# PP recycling digital twin: the deterministic layer

The dashboard explores recycled-polypropylene formulations: recycled base resin
(rPP) blended with a toughener (POE) and a filler (talc), processed at a given
screw speed and barrel temperature. Three random-forest regressors predict
notched impact strength, tensile strength and the compound's melt flow index
(Final_MFI). They are fit on 500 synthetic rows generated from fixed affine
laws plus Gaussian noise.

This project models the deterministic logic around those predictions, with
exact Dafny `real` numbers in place of Python floats:

- `formulation.dfy` (module `Formulation`): the six-feature vector, the sidebar
  controls and their ranges, the ranges the training data is drawn from, and
  the predicted responses, which enter the model as uninterpreted reals.
- `cost.dfy` (module `Cost`): the base-resin share and the cost per tonne.
- `response.dfy` (module `Response`): the synthetic response laws. Each noise
  draw is an explicit parameter. Also the generated training table.
- `radar.dfy` (module `Radar`): the radar chart's scaling, its cap at 100 and
  the cost-advantage score floored at 0.
- `kpi.dfy` (module `Kpi`): the metric-card status labels and the three-way
  formulation advice.
- `sweep.dfy` (module `Sweep`): `numpy.linspace` and the POE sensitivity batch.
- `dashboard.dfy` (module `Dashboard`): one refresh of the page, combining
  the pieces.

The training data is drawn from narrower ranges (`app.py:53-58`) than the
sliders allow (`app.py:96-105`). The model proves the consequence: the
sliders and the sweep reach settings the regressors never saw.

`app.py` raises no errors of its own. Response kinds are fixed record fields
here, and `real` has no non-finite values.

## Model

| member | source | states |
|---|---|---|
| Formulation.TrainingBoxWithinSliderBox | app.py:53-58 | every training-data range lies inside the matching slider range, so every training feature vector lies within the slider ranges |
| Formulation.SlidersReachBeyondTraining | app.py:96-105 | the default sidebar state lies within both boxes, but POE at 40 is a slider setting outside the training data |
| Formulation.OutsideTrainingBox | app.py:53-58 | a slider setting falls outside the training box exactly when rPP_MFI > 25, ash < 0.5, POE > 30, Talc > 40, RPM outside [200, 600] or temperature > 230 |
| Cost.BaseResinShare | app.py:113-114 | base resin, POE and Talc shares add up to the 100 total weight |
| Cost.MaterialCost | app.py:107-115 | the price-weighted sum plus the 800 processing fee equals 6800 + 80·POE − 40·Talc |
| Cost.SliderBounds | app.py:100-115 | for POE in [0, 40] and Talc in [0, 50], base resin is at least 10 % and the cost lies in [4800, 10000] |
| Cost.SliderBoundsAttained | app.py:100-115 | both cost bounds and the minimum resin share are reached by slider settings |
| Cost.CostIncreasesWithPoe | app.py:114-115 | cost strictly increases with POE |
| Cost.CostDecreasesWithTalc | app.py:114-115 | cost strictly decreases with Talc |
| Response.TrainingSet | app.py:52-74 | one row per draw, in order, with the drawn features; each response minus its own noise draw is that response's noise-free law |
| Response.GeneratedTable | app.py:49-60 | 500 draws from the training ranges give a 500-row table whose features all lie in those ranges |
| Response.TrainingSetInBox | app.py:52-60 | draws from the training ranges give a table whose features all lie in those ranges |
| Response.NoiseIsAdditive | app.py:64-74 | each response moves one-for-one with its noise term |
| Response.ImpactMonotone | app.py:64-65 | Impact strictly increases with POE and strictly decreases with Talc and with ash |
| Response.ImpactIgnoresMfiAndProcess | app.py:64-65 | Impact does not depend on rPP_MFI, Screw_RPM or Barrel_Temp |
| Response.TensileMonotone | app.py:68-69 | Tensile strictly increases with Talc and strictly decreases with POE and with ash |
| Response.TensileIgnoresMfiAndProcess | app.py:68-69 | Tensile does not depend on rPP_MFI, Screw_RPM or Barrel_Temp |
| Response.FinalMfiIgnoresPoeAshRpm | app.py:72-74 | Final_MFI does not depend on POE, ash or Screw_RPM (the comment at app.py:71 also names high screw speed as a cause of degradation, but the law has no Screw_RPM term) |
| Response.FinalMfiMonotone | app.py:72-74 | Final_MFI rises with rPP_MFI and with temperature and falls with Talc |
| Response.NoiseFreeBandsOnTrainingBox | app.py:52-74 | on the training ranges the noise-free Impact lies in [−4, 56.7], Tensile in [7.5, 41.75] and Final_MFI in [−4, 20.5] |
| Radar.Scaled | app.py:166-169 | a scaled prediction is at most 100, equals prediction × factor when that is at most 100, and is negative exactly when the prediction is (no lower clamp) |
| Radar.ScaledMonotone | app.py:166-169 | scaling is monotone in the prediction |
| Radar.CostScore | app.py:164 | the cost score is never negative, is 0 exactly when cost ≥ 10000, and otherwise is one point per 50 below 10000 |
| Radar.CostScoreAntitone | app.py:164 | a cheaper formulation never gets a lower cost score |
| Radar.CostScoreOnSliders | app.py:164 | for slider settings the cost score lies in [0, 104], exceeds the axis top 100 exactly when cost < 5000, and reaches 104 at POE 0, Talc 50 |
| Radar.Values | app.py:166-171 | each prediction spoke equals prediction × 4, × 3, × 5 when that is at most 100 and exactly 100 otherwise; the cost spoke is the cost score, never negative, 0 exactly when cost ≥ 10000, else one point per 50 below 10000 |
| Radar.AllOnAxisIff | app.py:164-180 | all four spokes lie on the fixed [0, 100] axis exactly when no prediction is negative and cost ≥ 5000 |
| Kpi.CostCard | app.py:145 | the cost delta is "-50 (同比)" exactly when cost < 7500, otherwise "+120" |
| Kpi.ImpactCard | app.py:147 | the impact card is "达标" exactly when impact > 15, otherwise "未达标" |
| Kpi.TensileCard | app.py:149 | the tensile card is "达标" exactly when tensile > 20, otherwise "偏低" |
| Kpi.CardTextsDistinct | app.py:145-149 | the two texts of each card differ, so a card's text determines its status |
| Kpi.CostCardOnSliders | app.py:145 | for whole-number POE and Talc, the cost card shows the drop exactly when 2·POE − Talc ≤ 17 |
| Kpi.Advise | app.py:221-226 | exactly one outcome: the impact warning exactly when impact < 10, even if tensile is also low; the tensile warning exactly when impact ≥ 10 and tensile < 20; success exactly when impact ≥ 10 and tensile ≥ 20 |
| Kpi.ImpactMetRulesOutImpactWarning | app.py:147 | an impact card reading "达标" rules out the impact warning |
| Kpi.BalancedWithMissedImpact | app.py:221-226 | success advice with an impact card of "未达标" happens exactly when 10 ≤ impact ≤ 15 and tensile ≥ 20 |
| Kpi.BalancedWithLowTensile | app.py:221-226 | success advice with a tensile card of "偏低" happens exactly when impact ≥ 10 and tensile is exactly 20 |
| Kpi.CardsMetImplyBalanced | app.py:221-226 | both cards met implies success advice; impact 12 with tensile 25 shows the converse fails |
| Sweep.Linspace | app.py:191 | num points: the first is start, the last is exactly stop, neighbours are (stop − start)/(num − 1) apart; strictly ascending when start < stop and within [start, stop] when start ≤ stop |
| Sweep.PoeGrid | app.py:191 | 50 points from 0 to 40, the k-th equal to k·40/49, strictly ascending with constant step 40/49 |
| Sweep.SweepRows | app.py:192-199 | one row per grid value; the row's POE_Ratio is that value and the other five features are the current ones |
| Sweep.SweepRowsDifferOnlyInPoe | app.py:192-199 | any two rows of a sweep batch differ at most in POE_Ratio |
| Sweep.SweepBatch | app.py:191-199 | the 50-row batch from the sidebar state stays within the slider ranges, and its k-th row is in the POE training range exactly when k < 37 |
| Dashboard.SliderCost | app.py:107-171 | for slider settings the cost lies in [4800, 10000] and the cost score in [0, 104] |
| Dashboard.Refresh | app.py:107-226 | one refresh: the closed-form cost with its slider bounds; cost delta shows the drop exactly when 2·POE − Talc ≤ 17; impact card met exactly when impact > 15, tensile card met exactly when tensile > 20; impact warning exactly when impact < 10, tensile warning exactly when impact ≥ 10 and tensile < 20, success otherwise; the spokes are the radar values of the predictions and the cost; the radar fits its axis exactly when no prediction is negative and 2·POE − Talc ≥ −45 |

## Left out

- Page configuration, CSS, sidebar widgets, metric cards, the expander and
  `st.cache_resource` (`app.py:18-37, 42, 93-105, 143-151, 220`): presentation
  and caching. The slider ranges and defaults are modelled. The float
  sliders' 0.01 step is not modelled.
- Random-forest fitting and prediction (`app.py:79-83, 138-140, 202-203`): a
  foreign library. Predictions are uninterpreted `real` inputs. So the
  impact and tensile curves over the sweep batch are not modelled, nor
  whether the predicted impact curve rises with POE, as the comment at
  `app.py:63` expects.
- The seeded uniform and Gaussian draws (`app.py:48-58, 65, 69, 74`):
  randomness. Each draw is a parameter (`Response.Draw`), so determinism under
  a fixed seed is immediate. The table is defined for any number of draws;
  `Response.GeneratedTable` states it for the 500 draws of `app.py:49`.
- Formulation.OutsideTrainingBox: uses the closed hull of each half-open
  `np.random.uniform` range, so upper bounds such as POE 30 or Talc 40 count
  as inside the training box although no draw reaches them exactly.
- Plotly figure construction (`app.py:173-184, 206-217`) and number formatting
  in the card texts (`app.py:145-151`): presentation. The card delta texts
  themselves are modelled.
- IEEE double rounding in the cost arithmetic and in `linspace`: exact
  rationals instead. With floats, `linspace` points can differ from
  k·40/49 in the last bits, and the step is constant only up to rounding.
