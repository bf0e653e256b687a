/**
  The visuals component shown beside a calculated score: a radial gauge for
  the score, coloured by risk level, and three bars for the inputs as
  percentages of nominal amounts. Only the values handed to the chart and
  the bars are modelled, not their drawing.
 */
module BurnoutVisuals {
  import BurnoutCalculator

  /** What the component is given: the score and the three raw hour counts. */
  datatype Props = Props(score: real, workHours: real, sleepHours: real, selfCareHours: real)

  /** Work hours as a percentage of a 40-hour week. */
  function NormalizedWorkHours(workHours: real): real { (workHours / 40.0) * 100.0 }

  /** Sleep hours as a percentage of 9 hours (the scorer's target is 8). */
  function NormalizedSleepHours(sleepHours: real): real { (sleepHours / 9.0) * 100.0 }

  /** Self-care hours as a percentage of 10 hours. */
  function NormalizedSelfCare(selfCareHours: real): real { (selfCareHours / 10.0) * 100.0 }

  /** This component's own copy of the level for a score. */
  function RiskLevel(score: real): BurnoutCalculator.RiskLevelInfo
  {
    if score <= 3.0 then BurnoutCalculator.RiskLevelInfo("Low Risk", "text-sage-500")
    else if score <= 6.0 then BurnoutCalculator.RiskLevelInfo("Moderate Risk", "text-orange-500")
    else BurnoutCalculator.RiskLevelInfo("High Risk", "text-red-500")
  }

  /** The single datum of the radial gauge. */
  datatype GaugeDatum = GaugeDatum(name: string, value: real, fill: string)

  function Gauge(score: real): GaugeDatum
  {
    GaugeDatum(
      "Risk Score",
      score * 10.0,
      if score <= 3.0 then "#68D391" else if score <= 6.0 then "#F6AD55" else "#FC8181")
  }

  /** The lower and upper ends of the gauge's angle axis. */
  const GaugeDomainLow := 0.0
  const GaugeDomainHigh := 100.0

  /** One bar of the key metrics panel. */
  datatype Metric = Metric(caption: string, value: real, color: string)

  function Metrics(workHours: real, sleepHours: real, selfCareHours: real): seq<Metric>
  {
    [ Metric("Work Load", NormalizedWorkHours(workHours), "#9b87f5"),
      Metric("Sleep Quality", NormalizedSleepHours(sleepHours), "#7E69AB"),
      Metric("Self-Care", NormalizedSelfCare(selfCareHours), "#6E59A5") ]
  }

  /** The width of a bar, in percent: the metric's value, capped at 100. */
  function BarWidth(value: real): (w: real)
    ensures w <= 100.0
    ensures value <= 100.0 ==> w == value
    ensures value > 100.0 ==> w == 100.0
  {
    BurnoutCalculator.Min(value, 100.0)
  }

  /** Everything the component hands to the chart and the bars. */
  datatype View = View(
    gauge: GaugeDatum,
    metrics: seq<Metric>,
    level: BurnoutCalculator.RiskLevelInfo,
    barWidths: seq<real>)

  function Render(p: Props): (v: View)
    ensures |v.metrics| == 3 && |v.barWidths| == 3
    ensures forall k :: 0 <= k < 3 ==> v.barWidths[k] <= 100.0
    ensures forall k :: 0 <= k < 3 && v.metrics[k].value <= 100.0 ==> v.barWidths[k] == v.metrics[k].value
    ensures forall k :: 0 <= k < 3 && v.metrics[k].value > 100.0 ==> v.barWidths[k] == 100.0
    ensures v.metrics == Metrics(p.workHours, p.sleepHours, p.selfCareHours)
    ensures v.gauge == Gauge(p.score)
    ensures v.level == BurnoutCalculator.RiskLevel(p.score)
  {
    RiskLevelAgrees(p.score);
    var metrics := Metrics(p.workHours, p.sleepHours, p.selfCareHours);
    View(
      Gauge(p.score),
      metrics,
      RiskLevel(p.score),
      seq(3, k requires 0 <= k < 3 => BarWidth(metrics[k].value)))
  }

  /** Both components band a score identically. */
  lemma RiskLevelAgrees(score: real)
    ensures RiskLevel(score) == BurnoutCalculator.RiskLevel(score)
  {
  }

  /** The gauge is green, amber or red exactly when the level is Low, Moderate or High. */
  lemma GaugeFillMatchesLevel(score: real)
    ensures Gauge(score).fill == "#68D391" <==> RiskLevel(score).level == "Low Risk"
    ensures Gauge(score).fill == "#F6AD55" <==> RiskLevel(score).level == "Moderate Risk"
    ensures Gauge(score).fill == "#FC8181" <==> RiskLevel(score).level == "High Risk"
  {
  }

  /** The gauge colour follows the same bands as the calculator's level. */
  lemma GaugeFillMatchesBand(score: real)
    ensures Gauge(score).fill == "#68D391" <==> BurnoutCalculator.InBand(BurnoutCalculator.Low, score)
    ensures Gauge(score).fill == "#F6AD55" <==> BurnoutCalculator.InBand(BurnoutCalculator.Moderate, score)
    ensures Gauge(score).fill == "#FC8181" <==> BurnoutCalculator.InBand(BurnoutCalculator.High, score)
  {
  }

  /** A score on the 0-10 scale puts the gauge inside its 0-100 axis. */
  lemma GaugeInDomain(score: real)
    requires 0.0 <= score <= 10.0
    ensures GaugeDomainLow <= Gauge(score).value <= GaugeDomainHigh
  {
  }

  /** The score the calculator hands over always fits the gauge's axis. */
  lemma GaugeOfCalculatedScore(i: BurnoutCalculator.Inputs)
    ensures GaugeDomainLow <= Gauge(BurnoutCalculator.RiskScore(i)).value <= GaugeDomainHigh
  {
  }

  /** Three metrics, in the order Work Load, Sleep Quality, Self-Care, each a percentage of its nominal amount. */
  lemma MetricsShape(workHours: real, sleepHours: real, selfCareHours: real)
    ensures |Metrics(workHours, sleepHours, selfCareHours)| == 3
    ensures Metrics(workHours, sleepHours, selfCareHours)[0].caption == "Work Load"
    ensures Metrics(workHours, sleepHours, selfCareHours)[1].caption == "Sleep Quality"
    ensures Metrics(workHours, sleepHours, selfCareHours)[2].caption == "Self-Care"
    ensures Metrics(workHours, sleepHours, selfCareHours)[0].value * 40.0 == workHours * 100.0
    ensures Metrics(workHours, sleepHours, selfCareHours)[1].value * 9.0 == sleepHours * 100.0
    ensures Metrics(workHours, sleepHours, selfCareHours)[2].value * 10.0 == selfCareHours * 100.0
  {
  }

  /** A bar is full exactly at its nominal amount: 40 hours of work, 9 of sleep, 10 of self-care. */
  lemma MetricsFullAtNominal(workHours: real, sleepHours: real, selfCareHours: real)
    ensures NormalizedWorkHours(workHours) == 100.0 <==> workHours == 40.0
    ensures NormalizedSleepHours(sleepHours) == 100.0 <==> sleepHours == 9.0
    ensures NormalizedSelfCare(selfCareHours) == 100.0 <==> selfCareHours == 10.0
  {
  }

  /** The work and self-care bars use the scorer's own nominal amounts. */
  lemma MetricsAgreeWithScorer(i: BurnoutCalculator.Inputs)
    ensures NormalizedWorkHours(i.hoursWorked) == BurnoutCalculator.WorkLoad(i) * 100.0
    ensures NormalizedSelfCare(i.selfCareHours) == (1.0 - BurnoutCalculator.SelfCareDeficit(i)) * 100.0
    ensures NormalizedSleepHours(i.sleepHours) * 9.0 == (1.0 - BurnoutCalculator.SleepDeficit(i)) * 800.0
  {
  }

  /** At the scorer's sleep target of 8 hours, with no sleep deficit, the sleep bar is not full. */
  lemma SleepTargetNotFullBar(i: BurnoutCalculator.Inputs)
    requires i.sleepHours == 8.0
    ensures BurnoutCalculator.SleepDeficit(i) == 0.0
    ensures NormalizedSleepHours(i.sleepHours) < 100.0
  {
  }
}
