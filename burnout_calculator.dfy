/**
  The burnout risk calculator component: the risk scorer, the two banding
  functions over its score, and the editing/locked input state around them.

  Numbers are modelled as `real`; the component's IEEE-754 doubles, and with
  them NaN and Infinity, are not part of this model.
 */
module BurnoutCalculator {

  /** The three lifestyle inputs, all in hours. */
  datatype Inputs = Inputs(hoursWorked: real, sleepHours: real, selfCareHours: real)

  /** The inputs the component starts with. */
  const DefaultInputs := Inputs(40.0, 7.0, 5.0)

  /** The inputs a reset restores. */
  const ResetInputs := Inputs(0.0, 0.0, 0.0)

  // ---------------------------------------------------------------------
  // The scorer
  // ---------------------------------------------------------------------

  function Min(a: real, b: real): real { if a <= b then a else b }

  function Max(a: real, b: real): real { if a >= b then a else b }

  /** Work load as a ratio of a nominal 40-hour week. */
  function WorkLoad(i: Inputs): real { i.hoursWorked / 40.0 }

  /** Sleep deficit against a target of 8 hours (negative above the target). */
  function SleepDeficit(i: Inputs): real { (8.0 - i.sleepHours) / 8.0 }

  /** Self-care deficit against a target of 10 hours (negative above the target). */
  function SelfCareDeficit(i: Inputs): real { (10.0 - i.selfCareHours) / 10.0 }

  /** The weighted composite before clamping: 40% work load, 30% each deficit. */
  function RawComposite(i: Inputs): real
  {
    (WorkLoad(i) * 4.0 + SleepDeficit(i) * 3.0 + SelfCareDeficit(i) * 3.0) / 10.0
  }

  /** The risk score: the composite clamped to [0, 1] and scaled to [0, 10]. */
  function RiskScore(i: Inputs): (score: real)
    ensures 0.0 <= score <= 10.0
  {
    Min(Max(RawComposite(i), 0.0), 1.0) * 10.0
  }

  /** The composite is a baseline of 0.6 raised by work and lowered by sleep and self-care. */
  lemma RawClosedForm(i: Inputs)
    ensures RawComposite(i)
         == 0.6 + i.hoursWorked / 100.0 - 3.0 * i.sleepHours / 80.0 - 3.0 * i.selfCareHours / 100.0
  {
  }

  /** The clamp: nothing below 0, nothing above 10, and an exact scaling in between. */
  lemma ScoreClamp(i: Inputs)
    ensures RawComposite(i) <= 0.0 ==> RiskScore(i) == 0.0
    ensures RawComposite(i) >= 1.0 ==> RiskScore(i) == 10.0
    ensures 0.0 < RawComposite(i) < 1.0 ==> RiskScore(i) == RawComposite(i) * 10.0
  {
  }

  /** The two ends of the scale are reached exactly when the clamp is active. */
  lemma ScoreExtremes(i: Inputs)
    ensures RiskScore(i) == 0.0 <==> RawComposite(i) <= 0.0
    ensures RiskScore(i) == 10.0 <==> RawComposite(i) >= 1.0
  {
  }

  /** More hours worked never lowers the score. */
  lemma ScoreMonotoneInWork(i: Inputs, more: real)
    requires more >= i.hoursWorked
    ensures RiskScore(i.(hoursWorked := more)) >= RiskScore(i)
  {
  }

  /** More sleep never raises the score. */
  lemma ScoreAntitoneInSleep(i: Inputs, more: real)
    requires more >= i.sleepHours
    ensures RiskScore(i.(sleepHours := more)) <= RiskScore(i)
  {
  }

  /** More self-care never raises the score. */
  lemma ScoreAntitoneInSelfCare(i: Inputs, more: real)
    requires more >= i.selfCareHours
    ensures RiskScore(i.(selfCareHours := more)) <= RiskScore(i)
  {
  }

  /** Inputs that are worse in every respect never score lower. */
  lemma ScoreMonotone(better: Inputs, worse: Inputs)
    requires worse.hoursWorked >= better.hoursWorked
    requires worse.sleepHours <= better.sleepHours
    requires worse.selfCareHours <= better.selfCareHours
    ensures RiskScore(worse) >= RiskScore(better)
  {
  }

  // ---------------------------------------------------------------------
  // Banding
  // ---------------------------------------------------------------------

  /** A risk level as the component shows it: a label and a colour class. */
  datatype RiskLevelInfo = RiskLevelInfo(level: string, color: string)

  /** The level for a score, with inclusive thresholds at 3 and 6. */
  function RiskLevel(score: real): RiskLevelInfo
  {
    if score <= 3.0 then RiskLevelInfo("Low Risk", "text-sage-500")
    else if score <= 6.0 then RiskLevelInfo("Moderate Risk", "text-orange-500")
    else RiskLevelInfo("High Risk", "text-red-500")
  }

  /** The estimated time to burnout for a score, on the same thresholds. */
  function BurnoutWindow(score: real): string
  {
    if score <= 3.0 then "Low risk - maintain current balance"
    else if score <= 6.0 then "4-8 weeks if patterns continue"
    else "2-4 weeks if patterns continue"
  }

  /** The three risk bands, each given by the interval of scores it covers. */
  datatype Band = Low | Moderate | High

  predicate InBand(b: Band, score: real)
  {
    match b
    case Low => score <= 3.0
    case Moderate => 3.0 < score <= 6.0
    case High => 6.0 < score
  }

  function BandLabel(b: Band): string
  {
    match b
    case Low => "Low Risk"
    case Moderate => "Moderate Risk"
    case High => "High Risk"
  }

  function BandWindow(b: Band): string
  {
    match b
    case Low => "Low risk - maintain current balance"
    case Moderate => "4-8 weeks if patterns continue"
    case High => "2-4 weeks if patterns continue"
  }

  /** Every score lies in exactly one band. */
  lemma BandsPartition(score: real)
    ensures InBand(Low, score) || InBand(Moderate, score) || InBand(High, score)
    ensures forall b1, b2 :: InBand(b1, score) && InBand(b2, score) ==> b1 == b2
  {
  }

  /** The level label names band b exactly when the score lies in b. */
  lemma RiskLevelMatchesBand(score: real, b: Band)
    ensures RiskLevel(score).level == BandLabel(b) <==> InBand(b, score)
  {
  }

  /** The burnout window names band b exactly when the score lies in b. */
  lemma BurnoutWindowMatchesBand(score: real, b: Band)
    ensures BurnoutWindow(score) == BandWindow(b) <==> InBand(b, score)
  {
  }

  /** The window and the level always describe the same band. */
  lemma WindowAgreesWithLevel(score: real)
    ensures forall b :: RiskLevel(score).level == BandLabel(b) <==> BurnoutWindow(score) == BandWindow(b)
  {
  }

  /** A higher score never falls into a lower band. */
  lemma BandsOrdered(s1: real, s2: real)
    requires s1 <= s2
    ensures InBand(High, s1) ==> InBand(High, s2)
    ensures InBand(Low, s2) ==> InBand(Low, s1)
  {
  }

  // ---------------------------------------------------------------------
  // Concrete cases
  // ---------------------------------------------------------------------

  /** The default inputs score 5.875, which is Moderate. */
  lemma DefaultInputsScore()
    ensures RiskScore(DefaultInputs) == 5.875
    ensures RiskLevel(RiskScore(DefaultInputs)).level == "Moderate Risk"
    ensures BurnoutWindow(RiskScore(DefaultInputs)) == "4-8 weeks if patterns continue"
  {
  }

  /** The reset inputs score exactly 6: the top of Moderate, not High. */
  lemma ResetInputsScore()
    ensures RawComposite(ResetInputs) == 0.6
    ensures RiskScore(ResetInputs) == 6.0
    ensures RiskLevel(RiskScore(ResetInputs)).level == "Moderate Risk"
    ensures BurnoutWindow(RiskScore(ResetInputs)) == "4-8 weeks if patterns continue"
  {
  }

  /** Double hours with ample rest still score High. */
  lemma OverworkedScore()
    ensures RiskScore(Inputs(80.0, 9.0, 10.0)) == 7.625
    ensures RiskLevel(7.625).level == "High Risk"
    ensures BurnoutWindow(7.625) == "2-4 weeks if patterns continue"
  {
  }

  /** A nominal week with full rest scores 4, which is Moderate. */
  lemma NominalWeekScore()
    ensures RiskScore(Inputs(40.0, 8.0, 10.0)) == 4.0
    ensures RiskLevel(4.0).level == "Moderate Risk"
  {
  }

  // ---------------------------------------------------------------------
  // Input fields
  // ---------------------------------------------------------------------

  /** The property names of Inputs, as the input controls address them. */
  predicate IsField(field: string)
  {
    field == "hoursWorked" || field == "sleepHours" || field == "selfCareHours"
  }

  /** The value of a named field. */
  function Get(i: Inputs, field: string): real
    requires IsField(field)
  {
    if field == "hoursWorked" then i.hoursWorked
    else if field == "sleepHours" then i.sleepHours
    else i.selfCareHours
  }

  /**
    The inputs with the named property set to v. A name that is not one of
    the three fields adds a property nothing reads, so the three are unchanged.
   */
  function Update(i: Inputs, field: string, v: real): Inputs
  {
    if field == "hoursWorked" then i.(hoursWorked := v)
    else if field == "sleepHours" then i.(sleepHours := v)
    else if field == "selfCareHours" then i.(selfCareHours := v)
    else i
  }

  /** Reading back a field just set gives the value set. */
  lemma GetUpdateSame(i: Inputs, field: string, v: real)
    requires IsField(field)
    ensures Get(Update(i, field, v), field) == v
  {
  }

  /** Setting one field leaves every other field as it was. */
  lemma GetUpdateOther(i: Inputs, field: string, other: string, v: real)
    requires IsField(other) && other != field
    ensures Get(Update(i, field, v), other) == Get(i, other)
  {
  }

  /** Setting a field to the value it already has changes nothing. */
  lemma UpdateGetSame(i: Inputs, field: string)
    requires IsField(field)
    ensures Update(i, field, Get(i, field)) == i
  {
  }

  /** An unknown property name leaves the inputs as they were. */
  lemma UpdateUnknown(i: Inputs, field: string, v: real)
    requires !IsField(field)
    ensures Update(i, field, v) == i
  {
  }

  // ---------------------------------------------------------------------
  // The editing/locked state
  // ---------------------------------------------------------------------

  /** The component's state: the inputs, whether results are shown, whether the input panel is open. */
  datatype UiState = UiState(inputs: Inputs, showResults: bool, isOpen: bool)

  const InitialState := UiState(DefaultInputs, false, true)

  /** The user actions the component handles. */
  datatype Event = InputChange(field: string, value: real) | Calculate | Reset

  /** The state after one action. */
  function Step(s: UiState, e: Event): UiState
  {
    match e
    case InputChange(field, v) =>
      if s.showResults then s else s.(inputs := Update(s.inputs, field, v))
    case Calculate => s.(showResults := true, isOpen := false)
    case Reset => UiState(ResetInputs, false, true)
  }

  /** The state after a sequence of actions, in order. */
  function Run(s: UiState, es: seq<Event>): UiState
    decreases |es|
  {
    if es == [] then s else Run(Step(s, es[0]), es[1..])
  }

  /** The input panel is open exactly while no results are shown. */
  predicate Consistent(s: UiState)
  {
    s.isOpen == !s.showResults
  }

  /** Every action keeps the panel open exactly while no results are shown. */
  lemma StepConsistent(s: UiState, e: Event)
    requires Consistent(s)
    ensures Consistent(Step(s, e))
  {
  }

  /** Every sequence of actions from a consistent state ends in a consistent state. */
  lemma {:induction false} RunConsistent(s: UiState, es: seq<Event>)
    requires Consistent(s)
    ensures Consistent(Run(s, es))
    decreases |es|
  {
    if es != [] {
      StepConsistent(s, es[0]);
      RunConsistent(Step(s, es[0]), es[1..]);
    }
  }

  /** Every state reachable from the initial one is consistent. */
  lemma ReachableConsistent(es: seq<Event>)
    ensures Consistent(Run(InitialState, es))
  {
    RunConsistent(InitialState, es);
  }

  predicate NoReset(es: seq<Event>)
  {
    forall k :: 0 <= k < |es| ==> !es[k].Reset?
  }

  /**
    Once results are shown, the inputs are locked: no sequence of input
    changes and recalculations alters them or hides the results again.
   */
  lemma {:induction false} LockedUntilReset(s: UiState, es: seq<Event>)
    requires s.showResults
    requires NoReset(es)
    ensures Run(s, es).inputs == s.inputs
    ensures Run(s, es).showResults
    decreases |es|
  {
    if es != [] {
      assert !es[0].Reset?;
      assert NoReset(es[1..]) by {
        forall k | 0 <= k < |es[1..]| ensures !es[1..][k].Reset? {
          assert es[1..][k] == es[k + 1];
        }
      }
      LockedUntilReset(Step(s, es[0]), es[1..]);
    }
  }

  /** While editing, each input change sets the named field and keeps editing. */
  lemma EditingAcceptsChange(s: UiState, field: string, v: real)
    requires !s.showResults
    requires IsField(field)
    ensures Get(Step(s, InputChange(field, v)).inputs, field) == v
    ensures !Step(s, InputChange(field, v)).showResults
  {
  }

  /** A reset forgets everything: all states reset to the same state, which scores 6. */
  lemma ResetForgets(s: UiState, t: UiState)
    ensures Step(s, Reset) == Step(t, Reset)
    ensures RiskScore(Step(s, Reset).inputs) == 6.0
    ensures !Step(s, Reset).showResults && Step(s, Reset).isOpen
  {
  }

  /** Calculating twice is the same as calculating once. */
  lemma CalculateIdempotent(s: UiState)
    ensures Step(Step(s, Calculate), Calculate) == Step(s, Calculate)
  {
  }

  /** What the component shows for its current inputs: score, level and window. */
  datatype Assessment = Assessment(score: real, riskLevel: RiskLevelInfo, burnoutWindow: string)

  /** The assessment rendered for some inputs: the score and its two bandings. */
  function Assess(i: Inputs): (a: Assessment)
    ensures a.score == RiskScore(i)
    ensures 0.0 <= a.score <= 10.0
    ensures exists b :: InBand(b, a.score) && a.riskLevel.level == BandLabel(b) && a.burnoutWindow == BandWindow(b)
    ensures forall b :: a.riskLevel.level == BandLabel(b) <==> a.burnoutWindow == BandWindow(b)
  {
    var score := RiskScore(i);
    var band := if score <= 3.0 then Low else if score <= 6.0 then Moderate else High;
    assert InBand(band, score) && RiskLevel(score).level == BandLabel(band) && BurnoutWindow(score) == BandWindow(band);
    Assessment(score, RiskLevel(score), BurnoutWindow(score))
  }

  /** The component's state held in place, updated by its three handlers. */
  class Calculator {
    var inputs: Inputs
    var showResults: bool
    var isOpen: bool

    function State(): UiState
      reads this
    {
      UiState(inputs, showResults, isOpen)
    }

    ghost predicate Valid()
      reads this
    {
      Consistent(State())
    }

    constructor ()
      ensures Valid()
      ensures State() == InitialState
    {
      inputs := DefaultInputs;
      showResults := false;
      isOpen := true;
    }

    /** The assessment for the current inputs, recomputed on every render. */
    function Current(): (a: Assessment)
      reads this
      ensures a == Assess(inputs)
      ensures a.score == RiskScore(inputs)
      ensures 0.0 <= a.score <= 10.0
    {
      Assess(inputs)
    }

    /** Sets the named field to the first slider value, unless results are shown. */
    method HandleInputChange(field: string, value: seq<real>)
      requires |value| > 0
      modifies this
      ensures Valid() == old(Valid())
      ensures State() == Step(old(State()), InputChange(field, value[0]))
      ensures old(showResults) ==> inputs == old(inputs)
      ensures !old(showResults) ==> inputs == Update(old(inputs), field, value[0])
      ensures showResults == old(showResults) && isOpen == old(isOpen)
    {
      if !showResults {
        inputs := Update(inputs, field, value[0]);
      }
    }

    /** Locks the inputs and shows the results. */
    method HandleCalculate()
      modifies this
      ensures Valid()
      ensures State() == Step(old(State()), Calculate)
      ensures inputs == old(inputs) && showResults && !isOpen
    {
      showResults := true;
      isOpen := false;
    }

    /** Zeroes the inputs and returns to editing. */
    method HandleReset()
      modifies this
      ensures Valid()
      ensures State() == Step(old(State()), Reset)
      ensures inputs == ResetInputs && !showResults && isOpen
    {
      inputs := ResetInputs;
      showResults := false;
      isOpen := true;
    }
  }
}
