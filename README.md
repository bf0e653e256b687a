# Burnout risk calculator: a Dafny model

This project models the core of a burnout self-assessment widget. The user
enters hours worked, sleep hours and self-care hours. The calculator turns
them into a risk score on a 0–10 scale, bands the score as Low, Moderate or
High Risk, and gives an estimated time to burnout. A visuals component then
shows the score on a radial gauge coloured by band, and the three inputs as
percentage bars.

Two modules follow the two source files:

- `BurnoutCalculator` (`burnout_calculator.dfy`) models `BurnoutCalculator.tsx`.
  It holds the scorer (`RiskScore`, built from `WorkLoad`, `SleepDeficit`,
  `SelfCareDeficit` and `RawComposite`) and the two banding functions
  (`RiskLevel`, `BurnoutWindow`). The bands are checked against an independent
  reference, `InBand`, which gives each band as an interval of scores. The
  component's state (`inputs`, `showResults`, `isOpen`) is the class
  `Calculator`, with one method per handler. Each method is tied to a pure
  transition function `Step`, and `Run` folds `Step` over a sequence of user
  actions, so that properties of whole interaction histories can be proved.
- `BurnoutVisuals` (`burnout_visuals.dfy`) models `BurnoutVisuals.tsx`. It gives
  the values the component hands to the chart and the bars: its own copy of
  the risk level, the gauge datum (value and fill colour), the three metrics,
  and the bar widths.

All arithmetic is over `real`. The inputs have no bounds, as in the source:
negative and very large hour counts are scored like any other value.

All-zero inputs do not reach the clamp: their composite is exactly 0.6, so
they score 6, which is Moderate Risk and not High (`ResetInputsScore`).

## Model

| member | source | states |
|---|---|---|
| BurnoutCalculator.RiskScore | src/components/BurnoutCalculator.tsx:26-33 | the score lies in the closed interval [0, 10] for every input triple |
| BurnoutCalculator.RawClosedForm | src/components/BurnoutCalculator.tsx:27-31 | the weighted composite equals 0.6 + work/100 − 3·sleep/80 − 3·selfCare/100: a baseline of 0.6, raised by work and lowered by rest |
| BurnoutCalculator.ScoreClamp | src/components/BurnoutCalculator.tsx:31-32 | a composite ≤ 0 gives 0, a composite ≥ 1 gives 10, anything in between gives exactly composite × 10 |
| BurnoutCalculator.ScoreExtremes | src/components/BurnoutCalculator.tsx:31-32 | the score is 0 iff the composite is ≤ 0, and 10 iff the composite is ≥ 1 |
| BurnoutCalculator.ScoreMonotoneInWork | src/components/BurnoutCalculator.tsx:27-32 | with sleep and self-care fixed, more hours worked never lower the score |
| BurnoutCalculator.ScoreAntitoneInSleep | src/components/BurnoutCalculator.tsx:28-32 | with work and self-care fixed, more sleep never raises the score |
| BurnoutCalculator.ScoreAntitoneInSelfCare | src/components/BurnoutCalculator.tsx:29-32 | with work and sleep fixed, more self-care never raises the score |
| BurnoutCalculator.ScoreMonotone | src/components/BurnoutCalculator.tsx:27-32 | inputs that are worse in all three respects never score lower |
| BurnoutCalculator.BandsPartition | src/components/BurnoutCalculator.tsx:35-39 | every score lies in exactly one of the bands (≤ 3, (3, 6], > 6) |
| BurnoutCalculator.RiskLevelMatchesBand | src/components/BurnoutCalculator.tsx:35-39 | the level is "Low Risk" iff score ≤ 3, "Moderate Risk" iff 3 < score ≤ 6, "High Risk" iff score > 6 |
| BurnoutCalculator.BurnoutWindowMatchesBand | src/components/BurnoutCalculator.tsx:41-45 | the window text is the Low, 4–8 weeks or 2–4 weeks text iff the score lies in the Low, Moderate or High band |
| BurnoutCalculator.WindowAgreesWithLevel | src/components/BurnoutCalculator.tsx:35-45 | for every score, the level and the window name the same band |
| BurnoutCalculator.BandsOrdered | src/components/BurnoutCalculator.tsx:35-39 | a higher score never falls into a lower band |
| BurnoutCalculator.DefaultInputsScore | src/components/BurnoutCalculator.tsx:16-20 | the default inputs {40, 7, 5} score 5.875, Moderate, "4-8 weeks" |
| BurnoutCalculator.ResetInputsScore | src/components/BurnoutCalculator.tsx:59-63 | the reset inputs {0, 0, 0} have composite 0.6 and score exactly 6: Moderate, not High |
| BurnoutCalculator.OverworkedScore | src/components/BurnoutCalculator.tsx:26-45 | inputs {80, 9, 10} score 7.625, High, "2-4 weeks" |
| BurnoutCalculator.NominalWeekScore | src/components/BurnoutCalculator.tsx:26-39 | inputs {40, 8, 10} score 4, Moderate |
| BurnoutCalculator.GetUpdateSame | src/components/BurnoutCalculator.tsx:49 | after an input change, the named field holds the new value |
| BurnoutCalculator.GetUpdateOther | src/components/BurnoutCalculator.tsx:49 | an input change leaves every other field as it was |
| BurnoutCalculator.UpdateGetSame | src/components/BurnoutCalculator.tsx:49 | setting a field to its current value changes nothing |
| BurnoutCalculator.UpdateUnknown | src/components/BurnoutCalculator.tsx:49 | a property name other than the three fields leaves the three fields unchanged |
| BurnoutCalculator.StepConsistent | src/components/BurnoutCalculator.tsx:47-66 | every handler keeps `isOpen` equal to `!showResults` |
| BurnoutCalculator.RunConsistent | src/components/BurnoutCalculator.tsx:47-66 | any sequence of actions from a consistent state keeps `isOpen == !showResults` |
| BurnoutCalculator.ReachableConsistent | src/components/BurnoutCalculator.tsx:21-22 | every state reachable from the initial state has `isOpen == !showResults` |
| BurnoutCalculator.LockedUntilReset | src/components/BurnoutCalculator.tsx:47-56 | once results are shown, no sequence of input changes and recalculations alters the inputs or hides the results |
| BurnoutCalculator.EditingAcceptsChange | src/components/BurnoutCalculator.tsx:47-51 | while editing, an input change sets the named field to the value and stays in editing |
| BurnoutCalculator.ResetForgets | src/components/BurnoutCalculator.tsx:58-66 | reset leads every state to the same state: inputs scoring 6, results hidden, panel open |
| BurnoutCalculator.CalculateIdempotent | src/components/BurnoutCalculator.tsx:53-56 | calculating twice gives the same state as calculating once |
| BurnoutCalculator.Assess | src/components/BurnoutCalculator.tsx:68-70 | the rendered score is the risk score of the inputs, within [0, 10]; the rendered level and window both name the one band the score lies in |
| BurnoutCalculator.Calculator.constructor | src/components/BurnoutCalculator.tsx:16-22 | the component starts with inputs {40, 7, 5}, results hidden, panel open |
| BurnoutCalculator.Calculator.Current | src/components/BurnoutCalculator.tsx:68-70 | the assessment shown is that of the current inputs: their score, within [0, 10], with its level and window |
| BurnoutCalculator.Calculator.HandleInputChange | src/components/BurnoutCalculator.tsx:47-51 | while results are hidden, sets the named field to `value[0]`; while they are shown, changes nothing; keeps `isOpen == !showResults` exactly when it held before |
| BurnoutCalculator.Calculator.HandleCalculate | src/components/BurnoutCalculator.tsx:53-56 | shows results and closes the panel, leaving the inputs unchanged, from any state |
| BurnoutCalculator.Calculator.HandleReset | src/components/BurnoutCalculator.tsx:58-66 | zeroes all three inputs, hides results and opens the panel, from any state |
| BurnoutVisuals.RiskLevelAgrees | src/components/BurnoutVisuals.tsx:21-25 | the visuals' copy of the level equals the calculator's level for every score |
| BurnoutVisuals.GaugeFillMatchesLevel | src/components/BurnoutVisuals.tsx:31 | the gauge fill is #68D391 iff Low, #F6AD55 iff Moderate, #FC8181 iff High |
| BurnoutVisuals.GaugeFillMatchesBand | src/components/BurnoutVisuals.tsx:31 | the gauge fill follows the same thresholds, 3 and 6, as the calculator's bands |
| BurnoutVisuals.GaugeInDomain | src/components/BurnoutVisuals.tsx:30 | a score in [0, 10] gives a gauge value in the axis domain [0, 100] |
| BurnoutVisuals.GaugeOfCalculatedScore | src/components/BurnoutVisuals.tsx:74-77 | the score the calculator passes always gives a gauge value inside the axis domain [0, 100] |
| BurnoutVisuals.MetricsShape | src/components/BurnoutVisuals.tsx:35-54 | exactly three metrics, Work Load, Sleep Quality, Self-Care in that order, valued work/40·100, sleep/9·100, selfCare/10·100 |
| BurnoutVisuals.MetricsFullAtNominal | src/components/BurnoutVisuals.tsx:17-19 | a metric is 100% exactly at 40 hours of work, 9 of sleep, 10 of self-care |
| BurnoutVisuals.MetricsAgreeWithScorer | src/components/BurnoutVisuals.tsx:17-19 | the work and self-care bars use the scorer's nominal 40 and 10; the sleep bar is the scorer's sleep ratio scaled by 8/9 |
| BurnoutVisuals.SleepTargetNotFullBar | src/components/BurnoutVisuals.tsx:18 | at the scorer's 8-hour sleep target, with no deficit, the sleep bar is below 100% |
| BurnoutVisuals.BarWidth | src/components/BurnoutVisuals.tsx:120 | a bar width is at most 100, equals the value when the value is ≤ 100, and is 100 above that |
| BurnoutVisuals.Render | src/components/BurnoutVisuals.tsx:16-56 | the metrics are those built from the props and the gauge is that of the score; each of the three bar widths equals its metric when that is ≤ 100 and is 100 above; the level shown is the calculator's level |

## Left out

- Rendering: the JSX layout, the `framer-motion` animation and the `recharts` chart components are presentation over library code that is not part of this model. The model stops at the values handed to them.
- Text formatting: the `displayValue` strings built with `Math.round` and the `score.toFixed(1)` label depend on floating-point formatting and are display only.
- Floating point: numbers are `real`, so IEEE-754 rounding, NaN and Infinity are not modelled. The source has no guard for non-finite input, and the model adds none.
- The colour class names of the risk level are carried as plain strings; they carry no logic.
- The child components `InputSection`, `ResultsCard`, `ShareSection` and `BurnoutRecommendations`: their source is not part of this model. Which values the sliders can produce, and any clamping they do, is therefore not modelled.
- The `useRef` export refs, which only point at rendered elements.
- BurnoutCalculator.Calculator.HandleInputChange: requires a non-empty `value` array. InputSection's source is not part of this model; with an empty array the source stores `undefined` in the field, which `real` cannot represent.
- BurnoutCalculator.Update: a property name other than the three fields adds an extra property to the inputs object in the source. Nothing in the two modelled files reads it, so the model keeps only the three fields and leaves them unchanged.
- Determinism is not stated as a lemma: every member here is a mathematical function of its arguments, so calling one twice with the same inputs gives the same result by construction.
- Handlers are modelled in sequence, each seeing the state the previous one left. In the source, `handleInputChange` tests the `showResults` captured by the render that created it, so a change arriving before the next render would see a stale flag; the model does not capture that.
