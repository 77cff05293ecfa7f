/** The assessment stepper's view logic: for each protocol step, whether it
    is complete or active, what its circle and message show, plus the gate of
    the VOT button and the label of the hold button. */
module AssessmentStepper {

  /** A step circle shows a check mark or the step's 1-based number. */
  datatype Circle = Check | Number(n: int)

  datatype StepView = StepView(complete: bool, active: bool, circle: Circle, message: string)

  /** The index of the step during which the VOT button is enabled. */
  const VotStep: int := 2

  /** The view of step `index` while the protocol is at `currentStep`. */
  function ViewStep(index: nat, currentStep: int, message: string): (v: StepView)
    ensures v.complete <==> index < currentStep
    ensures v.active <==> index == currentStep
    ensures !(v.complete && v.active)
    ensures v.circle == Check <==> v.complete
    ensures !v.complete ==> v.circle == Number(index + 1)
    ensures v.active ==> v.message == message
    ensures !v.active ==> v.message == ""
  {
    StepView(
      index < currentStep,
      index == currentStep,
      if index < currentStep then Check else Number(index + 1),
      if index == currentStep then message else "")
  }

  /** The number of steps shown complete. */
  function CountComplete(views: seq<StepView>): nat
    decreases |views|
  {
    if |views| == 0 then 0
    else CountComplete(views[..|views| - 1]) + (if views[|views| - 1].complete then 1 else 0)
  }

  function Clamp(x: int, lo: int, hi: int): int
    requires lo <= hi
  {
    if x < lo then lo else if x > hi then hi else x
  }

  /** The row of step views, one per step message, in order (the source's
      `steps.map`). At most one step is active. */
  function Render(currentStep: int, messages: seq<string>): (views: seq<StepView>)
    ensures |views| == |messages|
    ensures forall i :: 0 <= i < |views| ==> views[i] == ViewStep(i, currentStep, messages[i])
    ensures forall i, j :: 0 <= i < |views| && 0 <= j < |views| && views[i].active && views[j].active ==> i == j
  {
    seq(|messages|, i requires 0 <= i < |messages| => ViewStep(i, currentStep, messages[i]))
  }

  /** The completed steps are exactly the ones before the current step: their
      number is `currentStep` clamped to the number of steps. */
  lemma {:induction false} RenderCountsComplete(currentStep: int, messages: seq<string>)
    ensures CountComplete(Render(currentStep, messages)) == Clamp(currentStep, 0, |messages|)
    decreases |messages|
  {
    if |messages| > 0 {
      var k := |messages| - 1;
      var views := Render(currentStep, messages);
      RenderCountsComplete(currentStep, messages[..k]);
      assert views[..k] == Render(currentStep, messages[..k]);
    }
  }

  /** The VOT button is enabled only at the VOT step. */
  function VotEnabled(currentStep: int): (enabled: bool)
    ensures enabled <==> ViewStep(2, currentStep, "").active
    ensures enabled ==> forall i: nat :: ViewStep(i, currentStep, "").complete <==> i < 2
  {
    currentStep == VotStep
  }

  /** The gate never looks at the number of steps: when the button is
      enabled, some step of the rendered row is active exactly when the row
      has at least three steps. A shorter row enables the button with no
      active step. */
  lemma VotGateAgainstRow(currentStep: int, messages: seq<string>)
    requires VotEnabled(currentStep)
    ensures (exists i :: 0 <= i < |messages| && Render(currentStep, messages)[i].active) <==> |messages| > 2
  {
    if |messages| > 2 {
      assert Render(currentStep, messages)[2].active;
    }
  }

  /** The label of the hold button. */
  function HoldLabel(isHeld: bool): (r: string)
    ensures r == "[Resume]" <==> isHeld
    ensures r == "[Hold]" <==> !isHeld
  {
    if isHeld then "[Resume]" else "[Hold]"
  }
}
